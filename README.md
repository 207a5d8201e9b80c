# Print Tracking Portal — a verified Dafny model

The Print Tracking Portal records what a company's Windows PCs print. An
agent on each PC watches the print spooler, turns every job into a record,
sends it to a FastAPI backend and keeps it in a local SQLite queue while the
portal cannot be reached. The backend stores companies, sites, users,
agents, printers and print jobs through SQLAlchemy, lists and aggregates the
jobs, manages users and logins, and registers agents.

This project models the checkable logic under that plumbing and proves what
it promises:

- the agent's offline job queue (`local_storage.dfy`) and the demo agent that
  drains it, submits jobs and registers with the portal (`agent_demo.dfy`);
- the agent's configuration store (`config_manager.dfy`);
- printer capability classification and job record extraction
  (`print_monitor.dfy`);
- the database records, their defaults and unique constraints
  (`models.dfy`), and a SQLAlchemy-like session with flush, commit,
  rollback and a session poisoned by a failed flush (`database.dfy`);
- the backend services: print job ingestion, listing and statistics
  (`print_job_service.dfy`), user management (`user_service.dfy`),
  authentication (`auth_service.dfy`) and agent registration
  (`agents_endpoint.dfy`);
- the request schemas (`print_job_schemas.dfy`, `auth_schemas.dfy`), the
  model base class (`base_model.dfy`) and the backend settings
  (`settings.dfy`);
- the import rewrite script (`fix_imports.dfy`);
- shared pieces: Option/Result and loosely typed values (`common.dfy`),
  text functions with ASCII case mapping and Python's whitespace set
  (`text.dfy`), SQL `LIKE` matching (`like.dfy`), a
  stable insertion sort (`sorting.dfy`) and sequence helpers (`seqs.dfy`).

Modelling choices:

- Stateful code is imperative Dafny. The queue, the configuration, the
  demo agent, the session, the services, model instances and the file
  system of the rewrite script are classes whose methods change their
  fields. Each method is proved against a function of the old state.
  Queries, validators and decision rules are functions.
- The database is a value `Db` of tables (sequences of records) with one
  id counter. A flush that breaks a unique constraint fails with an
  integrity error and leaves the session needing a rollback, as SQLAlchemy
  does; every later statement in that session fails until it is rolled
  back.
- Clocks are integer parameters (seconds). The queue's `uuid4` row ids
  become fresh numbers from a counter (`LocalStorage.Store.nextId`), and
  the backend's ids are autoincrement integers. Only
  `secrets.token_urlsafe` is a parameter (`newKey`). The job submission
  replies are a sequence of booleans in call order. The health
  check is one boolean (`connected`), and the registration reply is a JSON
  value. The host queries of `get_system_info` are optional strings, with
  `None` for a query that raises. bcrypt hashing and verification,
  JWT decoding, the e-mail validator and the WMI printer query are
  function-typed parameters about which nothing is assumed.
- A request body is a record of `Input` values (omitted, explicit null or
  given), so that pydantic's defaults and its treatment of null are
  modelled.
- `get_or_create_site` looks a site up by `(site_id, company)`, but
  `site_id` is unique across all sites. In the same way,
  `get_or_create_user` looks a user up by `(username, company)`, but
  `username` is unique across all users. The model keeps both and proves
  that the clash is an integrity error (`SiteOfOtherCompanyClash`,
  `UsernameOfOtherCompanyClash`).
- Case mapping is ASCII: `lower()`, `upper()` and `title()` change ASCII
  letters only. `strip()` removes the whole set of characters Python's
  `str.isspace` accepts, including the Unicode spaces and line separators.

## Model

| member | source | states |
|---|---|---|
| LocalStorage.NewRow | agent/src/local_storage.py:40-49 | a new row holds the payload with status 'pending', zero upload attempts, no uploaded_at, and created_at = now |
| LocalStorage.PendingQuery | agent/src/local_storage.py:95-101 | the query returns only stored 'pending' rows, sorted by created_at, at most `limit` of them (exactly `limit` when that many exist), all of them when the limit is negative or large enough, and no pending row left out is older than one returned |
| LocalStorage.PendingQueryFacts | agent/src/local_storage.py:95-101 | the filter, sort and limit composition has every property the query promises |
| LocalStorage.PendingJobFacts | agent/src/local_storage.py:104-108 | a fetched job is the stored payload plus `_local_id` = row id and `_upload_attempts` = row attempts, every other key unchanged |
| LocalStorage.MarkUploaded | agent/src/local_storage.py:120-124 | the row with the id becomes 'uploaded' with uploaded_at = now; every other row is unchanged and an unknown id changes nothing |
| LocalStorage.AddAttempt | agent/src/local_storage.py:137-141 | the row with the id gets one more upload attempt; every other row is unchanged |
| LocalStorage.Cleanup | agent/src/local_storage.py:156-160 | exactly the 'uploaded' rows with uploaded_at before the cutoff are deleted; no row of another status is deleted; ids stay distinct |
| LocalStorage.RetryFailed | agent/src/local_storage.py:201-206 | exactly the 'failed' rows with fewer than max_attempts attempts become 'pending'; every other row is unchanged |
| LocalStorage.Purge | agent/src/local_storage.py:221-224 | exactly the rows with at least max_attempts attempts are deleted, whatever their status |
| LocalStorage.FilterKeepsDistinctIds | agent/src/local_storage.py:42 | deleting rows keeps the primary key unique |
| LocalStorage.CountsSumToTotal | agent/src/local_storage.py:175-189 | the per-status counts add up to the total row count |
| LocalStorage.Statistics | agent/src/local_storage.py:175-191 | 'total' is the row count; a status key is present exactly when some row has that status and then holds its count; the counts add up to the total |
| LocalStorage.Store.constructor | agent/src/local_storage.py:17-34 | a fresh store has an empty table |
| LocalStorage.Store.StorePrintJob | agent/src/local_storage.py:69-84 | exactly one row is appended, with a fresh id and status 'pending'; existing rows are unchanged |
| LocalStorage.Store.GetPendingJobs | agent/src/local_storage.py:90-110 | the result is PendingQuery's rows, in order, each turned into its job payload; default limit 100 |
| LocalStorage.Store.MarkAsUploaded | agent/src/local_storage.py:116-131 | the table becomes MarkUploaded of the old table |
| LocalStorage.Store.MarkUploadFailed | agent/src/local_storage.py:133-148 | the table becomes AddAttempt of the old table |
| LocalStorage.Store.CleanupOldJobs | agent/src/local_storage.py:150-169 | the table becomes Cleanup with cutoff now − days (default 30) |
| LocalStorage.Store.GetStatistics | agent/src/local_storage.py:171-195 | the GROUP BY loop computes Statistics of the table |
| LocalStorage.Store.RetryFailedJobs | agent/src/local_storage.py:197-215 | the table becomes RetryFailed with default max_attempts 5 |
| LocalStorage.Store.PurgeFailedJobs | agent/src/local_storage.py:217-233 | the table becomes Purge with default max_attempts 5 |
| AgentDemo.Unqueued | agent/demo.py:200-201 | the job sent is the fetched job without `_local_id` and `_upload_attempts`; every other key is kept |
| AgentDemo.UnqueuedPendingJob | agent/demo.py:199-201 | a queued job reaches the portal exactly as stored; the queue's own keys never leak into a submission |
| AgentDemo.Processed | agent/demo.py:199-208 | the drain handles at most the jobs fetched |
| AgentDemo.ProcessedAllNamed | agent/demo.py:199-208 | when every job has a document_name, every fetched job is handled |
| AgentDemo.ProcessedFirstUnnamed | agent/demo.py:203-208 | the first job without a document_name is submitted and marked, and then the log line's KeyError ends the drain |
| AgentDemo.SubmissionsAre | agent/demo.py:199-203 | the jobs submitted are the fetched rows' payloads, in queue order |
| AgentDemo.Outcome | agent/demo.py:203-207 | a successful upload marks its row uploaded at now; a failed one adds one attempt and leaves the status alone |
| AgentDemo.Drain | agent/demo.py:199-208 | the drain keeps the table's length |
| AgentDemo.DrainEffect | agent/demo.py:199-208 | after the drain, each handled row carries exactly its own upload's outcome and every other row is unchanged |
| AgentDemo.DrainNext | agent/demo.py:203-207 | one more handled job applies mark_as_uploaded or mark_upload_failed to its id |
| AgentDemo.SubmissionsNext | agent/demo.py:199-203 | one more handled job appends its payload to the submissions |
| AgentDemo.UploadStep | agent/demo.py:200-205 | the popped `_local_id` is the row id, and the log line's `document_name` is present exactly when the row has one |
| AgentDemo.PendingQueryDistinct | agent/src/local_storage.py:95-101 | one fetch hands out each stored row at most once |
| AgentDemo.StripTrailingSlashes | agent/src/api_client.py:23 | `rstrip('/')` keeps the longest prefix that does not end in '/' and drops only slashes |
| AgentDemo.FailedJobs | agent/demo.py:171-178 | the cached jobs are those whose submission failed, in order |
| AgentDemo.SubmittedPlusCached | agent/demo.py:162-183 | jobs_submitted + jobs_cached equals the number of jobs: each job is either submitted or cached |
| AgentDemo.Demo.constructor | agent/demo.py:27-36 | the demo starts with the loaded configuration, an empty queue, no client and no agent id |
| AgentDemo.Demo.RegisterWithPortal | agent/demo.py:52-100 | registration succeeds exactly when the client is built, connects and the reply has status 'success'; the body sent is RegistrationBody of the configuration and the system info; the agent id is taken from the reply on success and kept otherwise; a built client's key is the reply's api_key whenever a connected reply object carries one (the client adopts it even on a refused registration), else none; the config's api_key is set and saved only when the accepted reply carries a truthy one |
| AgentDemo.RegistrationBody | agent/demo.py:59-68 | the registration body has exactly the eight keys, with pc_name, username, os_version and agent_version from the system info, site_id and company_name from the configuration, the local ip and the demo printers |
| AgentDemo.Demo.SubmitDemoJobs | agent/demo.py:156-183 | without a client nothing happens; otherwise the counts are the successes and the failures, they add up to the job count, and exactly the failed jobs are appended to the queue as new pending rows, in order |
| AgentDemo.Demo.UploadCachedJobs | agent/demo.py:185-208 | without a client nothing happens and nothing is raised; otherwise the oldest pending jobs (at most 100) are fetched and submitted in order up to and including the first one without `document_name` (the Processed prefix), the table becomes the Drain of that prefix, and the call raises the `KeyError` exactly when some fetched job lacks `document_name`, after that job was marked |
| AgentDemo.Demo.UploadJobs | agent/demo.py:199-208 | the upload loop sends the Submissions of the Processed prefix and leaves its Drain; it ends with the uncaught `KeyError` exactly when some job lacks `document_name`, and that job is the last one handled |
| AgentDemo.Successes | agent/demo.py:171-173 | jobs_submitted counts the accepted submissions and never exceeds the number of jobs |
| ConfigManager.DefaultConfig | agent/src/config_manager.py:33-51 | the default map holds the documented values: api_url, api_key '', site_id 'DEFAULT', company_name 'Default Company', log_level 'INFO', intervals 300 and 60, cache days 7, empty pc_name and username |
| ConfigManager.Overlay | agent/src/config_manager.py:53-65 | `update` with the file: every key of the file wins, every other key is kept, and a missing or unreadable file changes nothing |
| ConfigManager.ServerOverlay | agent/src/config_manager.py:93-106 | keys outside the whitelist are never touched by a server update |
| ConfigManager.ServerOverlayNext | agent/src/config_manager.py:102-106 | one whitelist step sets the key when the server's value differs; a key's difference is judged against the original config, since each key is visited once |
| ConfigManager.ServerOverlayEffect | agent/src/config_manager.py:102-106 | a whitelisted key takes the server's value exactly when the server has it and it differs from the current one; otherwise it is unchanged |
| ConfigManager.ServerOverlayUnchanged | agent/src/config_manager.py:101-109 | when no whitelisted key differs, the update leaves the config as it was |
| ConfigManager.LogLevel | agent/src/config_manager.py:155-157 | log_level upper-cased, 'INFO' when unset; a non-string value has no upper-case form |
| ConfigManager.SystemInfoOf | agent/src/config_manager.py:114-136 | pc_name and username come from the config when truthy and from the host otherwise, os and python versions from the host; when a host query that is asked raises, every field is "Unknown" except agent_version, which defaults to '1.0.0' either way |
| ConfigManager.ConfigManager.constructor | agent/src/config_manager.py:15-31 | the config is the defaults overlaid with the file |
| ConfigManager.ConfigManager.LoadConfig | agent/src/config_manager.py:53-65 | the config becomes its overlay with the file; the file is unchanged |
| ConfigManager.ConfigManager.SaveConfig | agent/src/config_manager.py:67-79 | the file holds the config when it is writable and is unchanged otherwise |
| ConfigManager.ConfigManager.GetValue | agent/src/config_manager.py:81-83 | the stored value, or the default when the key is absent |
| ConfigManager.ConfigManager.Set | agent/src/config_manager.py:85-87 | only the key changes, and reading it back gives the value; nothing is saved |
| ConfigManager.ConfigManager.UpdateFromServer | agent/src/config_manager.py:89-112 | the config becomes the whitelist overlay; `updated` holds exactly when some whitelisted key differed, and only then is the config saved |
| ConfigManager.ConfigManager.ValidateConfig | agent/src/config_manager.py:138-147 | true exactly when api_url, site_id and company_name are all truthy |
| ConfigManager.ConfigManager.ResetToDefaults | agent/src/config_manager.py:149-153 | the config becomes exactly the defaults and is saved |
| ConfigManager.ConfigManager.GetLogLevel | agent/src/config_manager.py:155-157 | the log level is LogLevel of the config, 'INFO' when unset |
| ConfigManager.SaveThenLoad | agent/src/config_manager.py:53-79 | saving and then loading a writable config leaves the config unchanged |
| Models.NewCompany | backend/app/models/models.py:14-22 | a new company has the given name and domain, no logo, is active, and carries the mixin's id and timestamps |
| Models.NewSite | backend/app/models/models.py:29-40 | a new site has the given site_id, name and company, no address or contacts, and is active |
| Models.NewUser | backend/app/models/models.py:48-62 | a new user has role 'user', is active, is not an LDAP user, and has no email, name, hash, DN or last login |
| Models.NewAgent | backend/app/models/models.py:69-87 | a new agent is 'offline' with zero job counters, config_version 1 and last_seen = now |
| Models.NewPrinter | backend/app/models/models.py:94-106 | a new printer is neither colour nor duplex-capable, is active, and has no ip, location or model |
| Models.NewPrintJob | backend/app/models/models.py:113-147 | a new print job has copies 1, is neither duplex nor colour, and has no user, agent or printer link, while its site is required |
| Models.NewSystemConfig | backend/app/models/models.py:173-181 | a new config entry is not public and has no value or description |
| Models.AppendCompanyUnique | backend/app/models/models.py:20 | adding a company keeps domains unique exactly when it has no domain or a new one |
| Models.AppendSiteUnique | backend/app/models/models.py:34 | adding a site keeps site_id unique exactly when its site_id is new |
| Models.AppendUserUnique | backend/app/models/models.py:53-54 | adding a user keeps usernames unique exactly when the name is new, and emails exactly when it has none or a new one |
| Database.Flush | backend/app/models/models.py:20-79 | a flush succeeds exactly when the new state meets every unique constraint, and fails with an integrity error otherwise |
| Database.Aborted | backend/app/core/database.py:50 | a failed flush rolls the transaction back to the committed state and leaves the session needing a rollback |
| Database.Answer | backend/app/core/database.py:50 | a session that needs a rollback answers every operation with PendingRollback; otherwise the operation's own value or error is returned |
| Database.Committed | backend/app/core/database.py:50 | after a commit the committed state is the transaction's state |
| Database.BrokenRefusesAll | backend/app/core/database.py:50 | a session that needs a rollback neither changes nor answers anything else |
| Database.RunKeepsValid | backend/app/core/database.py:50 | running an operation never changes the committed state, and keeps the session's states valid |
| Database.Session.constructor | backend/app/core/database.py:66-73 | a new session opens a transaction on the committed database |
| Database.Session.Flush | backend/app/core/database.py:50 | a flush moves the transaction to the new state when the constraints hold, and aborts it otherwise |
| Database.Session.Commit | backend/app/core/database.py:50 | a commit makes the transaction's state the committed one, and fails on a session that needs a rollback |
| Database.Session.Rollback | backend/app/core/database.py:50 | a rollback discards the transaction and clears the need for a rollback |
| PrintJobSchemas.RequiredString | backend/app/schemas/print_jobs.py:12-16 | a required string field is accepted exactly when given with a length inside its bounds, and then kept as is |
| PrintJobSchemas.OptionalString | backend/app/schemas/print_jobs.py:15-22 | an optional string field (printer_ip, agent_version) is refused exactly when given longer than its maximum; missing or null gives None |
| PrintJobSchemas.RequiredInt | backend/app/schemas/print_jobs.py:17 | a required integer is accepted exactly when given inside its bounds (pages: 0 < pages ≤ 10000) |
| PrintJobSchemas.DefaultedInt | backend/app/schemas/print_jobs.py:18 | an omitted integer takes its default unvalidated, an explicit null is refused, a given one must lie in its bounds |
| PrintJobSchemas.DefaultedBool | backend/app/schemas/print_jobs.py:19-20 | an omitted flag takes its default (False), an explicit null is refused |
| PrintJobSchemas.OptionalIntAtLeast | backend/app/schemas/print_jobs.py:23 | job_size_bytes is refused exactly when given below 0 |
| PrintJobSchemas.PrintTime | backend/app/schemas/print_jobs.py:31-33 | a missing or null print_time becomes the current time; a given one is kept |
| PrintJobSchemas.ValidateCreate | backend/app/schemas/print_jobs.py:10-33 | a body is refused exactly when some field fails, with the set of failing fields; an accepted body lies within every bound, keeps the given values, and takes copies 1, is_duplex and is_color False when omitted |
| PrintJobSchemas.AcceptsWithinBounds | backend/app/schemas/print_jobs.py:10-33 | every record within the bounds is accepted unchanged when sent in full: the bounds are exactly what validation checks |
| PrintJobSchemas.ValidateFilter | backend/app/schemas/print_jobs.py:51-62 | a filter is accepted exactly when min_pages and max_pages, when set, are at least 1, and is then kept unchanged |
| PrintJobSchemas.ValidateBatch | backend/app/schemas/print_jobs.py:65-67 | a batch is accepted exactly when it has 1 to 1000 jobs and each job is accepted, and then holds each job's validated form in order |
| PrintJobService.CompanyStep | backend/app/services/print_job_service.py:213-220 | the company named company_name is returned unchanged when it exists; otherwise a new company with the lower-cased, space-free name as domain is flushed, which fails with an integrity error exactly when another company already holds that domain |
| PrintJobService.SiteUnder | backend/app/services/print_job_service.py:223-234 | the site with this site_id under the company is returned when it exists; otherwise a new site "Site <site_id>" is flushed, failing exactly when the site_id is taken anywhere |
| PrintJobService.SiteStep | backend/app/services/print_job_service.py:210-236 | on success the returned site has the requested site_id and belongs to a company with the requested name, in a database that keeps every constraint |
| PrintJobService.SiteStepFindsExisting | backend/app/services/print_job_service.py:213-225 | when company and site exist, nothing in the database changes |
| PrintJobService.SiteStepCreates | backend/app/services/print_job_service.py:214-234 | for an unknown company, a company and then a site are added, with consecutive ids and the site referring to the new company |
| PrintJobService.SiteStepIdempotent | backend/app/services/print_job_service.py:210-236 | asking again for the same site, at any later time, returns the same site and leaves the database as it is |
| PrintJobService.DomainClash | backend/app/services/print_job_service.py:214-220 | a new company whose derived domain is already taken fails with an integrity error |
| PrintJobService.SiteOfOtherCompanyClash | backend/app/services/print_job_service.py:223-234 | a site_id used under another company fails with an integrity error, because site_id is unique across all companies |
| PrintJobService.NewServiceUser | backend/app/services/print_job_service.py:245-251 | a user made on the fly has email "<username>@company.local", the title-cased name, is not an LDAP user and gets the column defaults (role "user", active, no password) |
| PrintJobService.UserStep | backend/app/services/print_job_service.py:238-255 | an existing user of the company is returned unchanged; otherwise a new user is flushed, which succeeds exactly when the database constraints still hold |
| PrintJobService.UsernameOfOtherCompanyClash | backend/app/services/print_job_service.py:240-253 | a username held in another company fails with an integrity error, because usernames are unique across companies |
| PrintJobService.PrinterStep | backend/app/services/print_job_service.py:257-273 | never fails; an existing printer of the site is returned unchanged, otherwise an active printer with the given ip is added |
| PrintJobService.CreateStep | backend/app/services/print_job_service.py:24-66 | on success exactly one job is appended, recording the submitted fields with total_pages = pages × copies, at the site with the submitted site_id; the only failure is an integrity error |
| PrintJobService.Ordered | backend/app/services/print_job_service.py:97-136 | the matching jobs, newest first: a permutation of exactly the jobs that pass every filter |
| PrintJobService.PrintJobs | backend/app/services/print_job_service.py:90-139 | the result is the page skip..skip+limit of the ordered matches: only matching jobs, newest first, at most limit of them |
| PrintJobService.PagesAreOrdered | backend/app/services/print_job_service.py:136-139 | every job of one page is at least as recent as every job of the following page |
| PrintJobService.PagesConcatenate | backend/app/services/print_job_service.py:139 | two consecutive pages together are the page of their combined size |
| PrintJobService.UsernameFilterIsSubstring | backend/app/services/print_job_service.py:105-106 | a username filter without wildcards keeps only jobs whose username contains it, ignoring case |
| PrintJobService.SumsSplit | backend/app/services/print_job_service.py:180-192 | colour plus black-and-white pages, and duplex plus single-sided pages, each add up to the total pages |
| PrintJobService.DistinctAtMost | backend/app/services/print_job_service.py:193-194 | there are no more distinct users or printers than jobs |
| PrintJobService.Statistics | backend/app/services/print_job_service.py:158-208 | over the jobs in the date range and site: the page splits add up to the total, distinct counts are at most the job count, no jobs give all zero, and the period echoes the arguments |
| PrintJobService.ColorPagesOfColorJobs | backend/app/services/print_job_service.py:181-183 | the colour page count is the total pages of the colour jobs |
| PrintJobService.RemoveAtFacts | backend/app/services/print_job_service.py:151-153 | removing one job leaves every other job and keeps job ids fresh |
| PrintJobService.WithoutJobFacts | backend/app/services/print_job_service.py:149-156 | deleting by id removes exactly the job with that id, keeps every other job and the constraints, and changes nothing when no job has that id |
| PrintJobService.BatchNext | backend/app/services/print_job_service.py:73-81 | each job of a batch extends either the created list or the failed list, in order, keeping the batch invariant |
| PrintJobService.PrintJobService.constructor | backend/app/services/print_job_service.py:21-22 | the service works on the given session |
| PrintJobService.PrintJobService.GetOrCreateSite | backend/app/services/print_job_service.py:210-236 | runs SiteStep in the session: an integrity error aborts it, a pending rollback refuses it |
| PrintJobService.PrintJobService.GetOrCreateUser | backend/app/services/print_job_service.py:238-255 | runs UserStep in the session |
| PrintJobService.PrintJobService.GetOrCreatePrinter | backend/app/services/print_job_service.py:257-273 | runs PrinterStep in the session |
| PrintJobService.PrintJobService.CreatePrintJob | backend/app/services/print_job_service.py:24-66 | runs CreateStep and commits on success; the failure is returned and the session left as the failed step left it |
| PrintJobService.PrintJobService.CreatePrintJobsBatch | backend/app/services/print_job_service.py:68-88 | processed + failed = number of jobs; created jobs record the first submissions in order; once one job fails, the session needs a rollback and every later job fails with that error |
| PrintJobService.PrintJobService.DeletePrintJob | backend/app/services/print_job_service.py:149-156 | returns whether a job with that id existed; if so exactly that job is removed and the session committed, otherwise nothing changes |
| Like.LikeAnyRest | backend/app/services/print_job_service.py:106 | a lone "%" pattern matches every string |
| Like.LikeLiteralPrefix | backend/app/services/print_job_service.py:106 | a wildcard-free text followed by "%" matches exactly the strings it is a prefix of |
| Like.LikeLeadingPercent | backend/app/services/print_job_service.py:106 | a pattern starting with "%" matches exactly when the rest of the pattern matches some suffix |
| Like.LowerWildcards | backend/app/services/user_service.py:38-43 | lower-casing neither adds nor removes the wildcards "%" and "_" and commutes with wrapping in "%" |
| Like.ILikeIsContains | backend/app/services/user_service.py:38-43 | ILIKE '%t%' on a wildcard-free t holds exactly when the lower-cased string contains the lower-cased t |
| Like.PercentInSearchIsWildcard | backend/app/services/print_job_service.py:106 | a search text holding "%" is not escaped: "a%c" matches "abc", though "abc" does not contain "a%c" |
| UserService.ByUsernameIsTotalPreorder | backend/app/services/user_service.py:60 | ordering by username is a total preorder |
| UserService.OrderedUsers | backend/app/services/user_service.py:34-60 | the matching users in username order, a permutation of exactly the matches |
| UserService.Users | backend/app/services/user_service.py:23-63 | the page skip..skip+limit of the ordered matches: only users that pass every filter, in username order, at most limit |
| UserService.UsersComplete | backend/app/services/user_service.py:34-60 | without a page limit, every matching user is listed |
| UserService.UserSearchIsSubstring | backend/app/services/user_service.py:37-45 | a wildcard-free search keeps only users whose username, email or full name contains it, ignoring case |
| UserService.CreatedUser | backend/app/services/user_service.py:101-112 | the new row copies the submitted fields, is an LDAP user exactly when an ldap_dn is given, and stores the hash of the password exactly when a password is given and no ldap_dn |
| UserService.CreateUserStep | backend/app/services/user_service.py:73-117 | a taken username, then a taken email, then an unknown company are refused in that order; otherwise exactly the created user is appended |
| UserService.CreateUserChecksSuffice | backend/app/services/user_service.py:75-117 | when the three checks pass on a consistent database, creation succeeds |
| UserService.CreatedUserHasHash | backend/app/services/user_service.py:104-109 | a non-LDAP user created with a password has the hash of it and is not an LDAP user |
| UserService.SetFields | backend/app/services/user_service.py:139-141 | the fields explicitly sent in the update, at most four |
| UserService.Updated | backend/app/services/user_service.py:139-141 | each explicitly sent field takes the sent value, an omitted field keeps its old value, nothing else changes |
| UserService.SetAllAppend | backend/app/services/user_service.py:140-141 | setting one more field is one more setattr on the result |
| UserService.SetAllConcat | backend/app/services/user_service.py:140-141 | setting two lists of fields is setting the first then the second |
| UserService.SetAllOne | backend/app/services/user_service.py:140-141 | setting a single field is one setattr |
| UserService.SetAllIsUpdated | backend/app/services/user_service.py:139-141 | the setattr loop over the sent fields gives exactly the updated user |
| UserService.UpdateUserStep | backend/app/services/user_service.py:119-148 | an unknown id is refused with "User not found", a new email used by another user with "Email already exists"; on success only that user changes, to the updated record with a new updated_at |
| UserService.ReplaceUserKeepsConstraints | backend/app/services/user_service.py:139-145 | replacing a user by a row with the same username and an unused email keeps the unique constraints |
| UserService.UpdateUserChecksSuffice | backend/app/services/user_service.py:119-148 | when the user exists and the email check passes, the update succeeds |
| UserService.DeleteUserStep | backend/app/services/user_service.py:150-164 | fails with "User not found" exactly when the id is unknown; otherwise the user is only deactivated, no row is removed |
| UserService.ResetPasswordStep | backend/app/services/user_service.py:166-186 | unknown users and LDAP users are refused; otherwise only the user's hash and updated_at change, with "Password reset successfully" |
| UserService.DeletedUserRemains | backend/app/services/user_service.py:159-162 | a deleted user can still be found by id and username, is inactive, and every other user is unchanged |
| UserService.LatestPrint | backend/app/services/user_service.py:266 | the latest print time of a user's jobs is one of their print times and no job is later |
| UserService.StatOf | backend/app/services/user_service.py:262-279 | one user's row: job count, total pages, colour pages of the colour jobs, bw = total - colour, and last_print the latest print_time among the user's jobs |
| UserService.Groups | backend/app/services/user_service.py:268 | one StatOf row per distinct username |
| UserService.UserStatistics | backend/app/services/user_service.py:259-280 | at most 50 rows, by total pages descending, of distinct printing users, each row that user's totals |
| UserService.UserStatisticsAreTop | backend/app/services/user_service.py:268 | `LIMIT 50` after `ORDER BY total_pages DESC` keeps min(50, number of printing users) rows, and every user left out printed no more pages than any user listed |
| UserService.TopGroups | backend/app/services/user_service.py:268 | the first 50 of the sorted groups are sorted, come from the groups, and name distinct users |
| UserService.UserStatisticsComplete | backend/app/services/user_service.py:262-268 | with at most 50 printing users, every printing user has a row |
| UserService.UserStatisticsAsWrittenFails | backend/app/services/user_service.py:265 | the statistics as written always fail, since the print job model has no color_pages column |
| UserService.UserService.constructor | backend/app/services/user_service.py:19-21 | the service works on the given session |
| UserService.UserService.CreateUser | backend/app/services/user_service.py:73-117 | runs CreateUserStep and commits on success; a refusal leaves the session as it was |
| UserService.UserService.UpdateUser | backend/app/services/user_service.py:119-148 | runs UpdateUserStep and commits on success |
| UserService.UserService.DeleteUser | backend/app/services/user_service.py:150-164 | runs DeleteUserStep and commits on success |
| UserService.UserService.ResetPassword | backend/app/services/user_service.py:166-186 | runs ResetPasswordStep and commits on success |
| AuthSchemas.ParseRole | backend/app/schemas/auth.py:11-15 | exactly "admin", "user" and "viewer" are roles, each parsed to the role of that name |
| AuthSchemas.RoleRoundTrip | backend/app/schemas/auth.py:11-15 | a role's name parses back to that role, and distinct roles have distinct names |
| AuthSchemas.DefaultedRole | backend/app/schemas/auth.py:41 | an omitted role defaults, an explicit null is refused, a given one is parsed |
| AuthSchemas.OptionalEmail | backend/app/schemas/auth.py:39 | an optional email is refused exactly when given and not a valid address |
| AuthSchemas.ValidateLogin | backend/app/schemas/auth.py:18-22 | a login body is refused exactly when some field fails, with the failing fields; an accepted one has a 1 to 100 character username, a non-empty password, and remember_me False by default |
| AuthSchemas.PasswordAsWritten | backend/app/schemas/auth.py:47-55 | the password field as the validator behaves: omitted passes without the validator, null is refused, a given one needs 8 characters |
| AuthSchemas.PasswordChecked | backend/app/schemas/auth.py:47-55 | the intended password rule: a given password needs 8 characters; without one, a non-empty ldap_dn is required |
| AuthSchemas.ValidateUserCreateAsWritten | backend/app/schemas/auth.py:36-55 | the refusals of the user creation body under the validator as written |
| AuthSchemas.ValidateUserCreate | backend/app/schemas/auth.py:36-55 | a user creation body is refused exactly when some field fails; an accepted one respects every length bound and default, and has no password only when it names an LDAP entry |
| AuthSchemas.AsWrittenAcceptsNoPassword | backend/app/schemas/auth.py:47-55 | as written, a body with only a username is accepted with neither password nor ldap_dn; the intended rule refuses it on password |
| AuthSchemas.AsWrittenRefusesLdapNullPassword | backend/app/schemas/auth.py:47-55 | as written, an LDAP user sent with password null is refused, because ldap_dn is not yet validated when the password validator runs; the intended rule accepts it |
| AuthSchemas.PasswordOrLdap | backend/app/schemas/auth.py:50-55 | every accepted user has a password or a non-empty ldap_dn, and an LDAP user without a password is accepted exactly when the other fields pass |
| AuthSchemas.ValidateUserUpdate | backend/app/schemas/auth.py:58-63 | an update body is refused exactly when some field fails; an accepted one keeps which fields were sent and their values |
| AuthSchemas.ValidatePasswordReset | backend/app/schemas/auth.py:91-94 | accepted exactly when user_id is given and new_password has at least 8 characters; each missing or short field is named in the error |
| AuthService.AuthenticateUser | backend/app/services/auth_service.py:34-52 | an unknown username gives nothing; an LDAP user is let in with any password; everyone else needs a stored hash the password verifies against |
| AuthService.LdapUserAnyPassword | backend/app/services/auth_service.py:41-44 | an LDAP user authenticates whatever the password |
| AuthService.CreatedUserLogsIn | backend/app/services/auth_service.py:34-52 | a user created with a password then logs in with that password, given a hash the verifier accepts |
| AuthService.VerifyToken | backend/app/services/auth_service.py:63-80 | a token is accepted exactly when it decodes and carries a non-null "sub"; the payload is returned as decoded |
| AuthService.CurrentUser | backend/app/services/auth_service.py:82-95 | the user whose username is the token's subject; a bad token or an unknown subject is refused |
| AuthService.DemoAdmin | backend/app/services/auth_service.py:106-115 | the demo admin: username "admin", role admin, active, non-LDAP, email admin@acme.com, the hash of "admin123" |
| AuthService.DemoUsersStep | backend/app/services/auth_service.py:97-119 | when no "admin" exists and a company does, the demo admin is added to the first company; otherwise nothing changes |
| AuthService.DemoUsersIdempotent | backend/app/services/auth_service.py:99-101 | running the demo set-up again changes nothing |
| AuthService.DemoAdminLogsIn | backend/app/services/auth_service.py:106-119 | a freshly made demo admin logs in as admin/admin123 |
| AuthService.AuthService.constructor | backend/app/services/auth_service.py:23-24 | the service works on the given session |
| AuthService.AuthService.CreateDemoUsers | backend/app/services/auth_service.py:97-119 | runs DemoUsersStep and commits when the admin was added |
| AgentsEndpoint.SiteFor | backend/app/api/v1/endpoints/agents.py:81-98 | the site with the registered site_id, found anywhere, is used as is; otherwise a site "Site <site_id>" is flushed under the company of that name, which is created without a domain when missing; from a valid database it never fails, since a company without a domain cannot clash and the lookup shows the site_id is free |
| AgentsEndpoint.Reregistered | backend/app/api/v1/endpoints/agents.py:106-114 | re-registration refreshes ip, username, versions, last_seen and status "online", and keeps the agent's id and api key |
| AgentsEndpoint.NewRegisteredAgent | backend/app/api/v1/endpoints/agents.py:116-130 | a new agent is online, carries the new api key and the registered fields, with the column defaults for its counters |
| AgentsEndpoint.ReplaceAgentKeepsConstraints | backend/app/api/v1/endpoints/agents.py:106-114 | updating an agent in place without changing its key keeps every constraint |
| AgentsEndpoint.AgentStep | backend/app/api/v1/endpoints/agents.py:100-131 | an agent with this pc_name at the site is updated in place; otherwise a new agent is added, which succeeds exactly when the api key is unused |
| AgentsEndpoint.RegisterStep | backend/app/api/v1/endpoints/agents.py:81-133 | site step then agent step; jobs are untouched, and the only failure is an integrity error, which happens exactly when the PC is new at its site and the offered api key is already taken |
| AgentsEndpoint.ReregistrationKeepsKey | backend/app/api/v1/endpoints/agents.py:100-114 | registering a known agent again only updates that agent |
| AgentsEndpoint.RegisterTwiceSameKey | backend/app/api/v1/endpoints/agents.py:74-140 | registering the same PC twice returns the same agent id and api key the second time, whatever new key is drawn |
| AgentsEndpoint.NewAgentGetsKey | backend/app/api/v1/endpoints/agents.py:115-131 | a new PC at a known site is given the new key and appended as an online agent |
| AgentsEndpoint.AgentsEndpoint.constructor | backend/app/api/v1/endpoints/agents.py:74 | the endpoint works on the request's session |
| AgentsEndpoint.AgentsEndpoint.FindOrCreateSite | backend/app/api/v1/endpoints/agents.py:81-98 | runs SiteFor in the session |
| AgentsEndpoint.AgentsEndpoint.RegisterAgent | backend/app/api/v1/endpoints/agents.py:74-148 | on success commits and answers "success", "Agent registered successfully" with the agent's id and api key; any failure rolls the session back to the last commit and answers 500 "Failed to register agent" |
| BaseModel.Overlay | backend/app/models/base.py:35-39 | every key of the data that names an attribute takes its value, every other attribute keeps its own |
| BaseModel.OverlaySets | backend/app/models/base.py:37-39 | an attribute named in the data takes the sent value |
| BaseModel.OverlayKeeps | backend/app/models/base.py:37-39 | an attribute absent from the data keeps its value |
| BaseModel.OverlayIgnoresUnknown | backend/app/models/base.py:38 | keys naming no attribute have no effect |
| BaseModel.OverlayIdempotent | backend/app/models/base.py:35-39 | applying the same update twice is applying it once |
| BaseModel.OverlayTwice | backend/app/models/base.py:35-39 | two updates in a row equal one update with the later values winning |
| BaseModel.ColumnDict | backend/app/models/base.py:28-33 | one entry per column, holding that column's value |
| BaseModel.ColumnDictAfterOverlay | backend/app/models/base.py:28-39 | after an update, to_dict shows the sent value for a named column and the old one otherwise |
| BaseModel.ModelInstance.constructor | backend/app/models/base.py:15-26 | every instance has the id, created_at and updated_at columns ahead of its own |
| BaseModel.ModelInstance.ToDict | backend/app/models/base.py:28-33 | the dictionary of the instance's columns, always holding id, created_at and updated_at |
| BaseModel.ModelInstance.UpdateFromDict | backend/app/models/base.py:35-39 | the loop over the data's keys leaves exactly the overlay of the data on the old values |
| Settings.CleanPieces | backend/app/core/config.py:85 | the stripped non-empty pieces, in order: exactly the strips of the pieces that are not empty |
| Settings.CorsOriginsList | backend/app/core/config.py:81-86 | every origin is non-empty, stripped and free of commas, and there are no more origins than comma-separated pieces |
| Settings.SplitJoin | backend/app/core/config.py:85 | splitting a comma-join of comma-free parts gives the parts back |
| Settings.CorsRoundTrip | backend/app/core/config.py:81-86 | a comma-joined list of clean origins is read back exactly |
| Settings.DefaultCorsOriginsList | backend/app/core/config.py:35 | the default allows exactly the four local development origins on ports 8080 and 3000 |
| Settings.ValidateSecretKey | backend/app/core/config.py:67-72 | accepted exactly when at least 32 characters long, and returned unchanged |
| Settings.SecretKeySetting | backend/app/core/config.py:67-72 | a missing SECRET_KEY (required with min_length 32 at line 24) is refused as required, a short one by the length rule; a long enough one is kept |
| Settings.ValidateDatabaseUrl | backend/app/core/config.py:74-79 | accepted exactly when non-empty, and returned unchanged |
| Settings.DatabaseUrlSetting | backend/app/core/config.py:74-79 | an unset DATABASE_URL takes the SQLite default declared at line 30, which passes the validator; a set one is validated |
| FixImports.ReplaceGrows | fix_imports.py:15-18 | substituting a longer text never shortens the content |
| FixImports.FixChangesIff | fix_imports.py:14-20 | the rewrite changes a file exactly when it holds "from app." or "import app." |
| FixImports.FixLeavesCleanContent | fix_imports.py:20-25 | a file without either form is left alone |
| FixImports.CountFixed | fix_imports.py:35-40 | no more files are counted than paths walked |
| FixImports.FixedFiles | fix_imports.py:30-42 | the file set keeps its paths; each fixed .py path holds its rewritten content, every other file its old one |
| FixImports.CountFixedNeedsImports | fix_imports.py:30-42 | when no file holds either import form, nothing is counted |
| FixImports.NextPath | fix_imports.py:35-36 | each path of the walk is visited once |
| FixImports.FileSystem.constructor | fix_imports.py:8-28 | the file system holds the given files and failing paths |
| FixImports.FileSystem.Read | fix_imports.py:11-12 | a read returns the content, or nothing when the file is missing or unreadable |
| FixImports.FileSystem.Write | fix_imports.py:21-22 | a write replaces the content, or fails and changes nothing |
| FixImports.FixImportsInFile | fix_imports.py:8-28 | reports a fix exactly when the file reads, its content changes and the write succeeds; only then is the rewritten content stored |
| FixImports.FixAllImports | fix_imports.py:30-42 | the count is the number of .py paths fixed, and the files end as FixedFiles of the walk |
| PrintMonitor.IsColorPrinter | agent/src/print_monitor.py:131-147 | with capabilities, colour exactly when one of them is 4 or 5; without, exactly when the lower-cased driver name contains "color", "colour" or "clr" |
| PrintMonitor.IsDuplexCapable | agent/src/print_monitor.py:149-165 | with capabilities, duplex exactly when one of them is 6 or 7; without, exactly when the lower-cased driver name contains "duplex", "double" or "two-sided" |
| PrintMonitor.CapabilitiesOverrideDriver | agent/src/print_monitor.py:135-139 | once capabilities are present, the driver name plays no part |
| PrintMonitor.LowerOfUpperChar | agent/src/print_monitor.py:142 | lower-casing an upper-cased letter gives its lower case |
| PrintMonitor.DriverTestIgnoresCase | agent/src/print_monitor.py:142-162 | the driver-name test of both the colour and the duplex check does not depend on the case of the name |
| PrintMonitor.PrinterInfo | agent/src/print_monitor.py:104-129 | the five printer keys always; the first printer's port, driver, location and capabilities when the query finds one, the empty defaults otherwise |
| PrintMonitor.PrinterName | agent/src/print_monitor.py:85 | the part of the job name before the first comma, the whole name when it has none, "Unknown Printer" for a missing or empty name |
| PrintMonitor.SplitFirstIsPrefix | agent/src/print_monitor.py:85 | the first comma piece is a prefix of the name that ends at a comma or at the end |
| PrintMonitor.JobData | agent/src/print_monitor.py:82-92 | the nine job keys, each the job's attribute when present and its default otherwise, with the current time as print_time |
| PrintMonitor.ProcessPrintJob | agent/src/print_monitor.py:78-99 | the job data updated with the printer information of the job's printer name |
| PrintMonitor.BareJobDefaults | agent/src/print_monitor.py:82-129 | a job with no attributes at all reports every default |

## Left out

- agent/src/main.py is not part of this model. It is Windows service plumbing, and it disagrees with its collaborators: it calls `.get` on the result of `load_config()`, which returns nothing, and it reads `job['id']` where the queue supplies `_local_id`. The drain is modelled from agent/demo.py instead.
- agent/src/api_client.py is not modelled beyond `rstrip('/')` on the base URL. Each HTTP call is an oracle reply.
- The WMI monitoring thread, the event watcher and printer enumeration (agent/src/print_monitor.py:30-76, 167-192) are concurrency and foreign calls. A printer query that raises is the oracle answering nothing.
- A WMI attribute that is present but of an unexpected type (a driver name that is not a string, say) is not modelled. Only missing attributes and `None` are.
- The REST endpoint modules other than agent registration are thin FastAPI wrappers or stubs returning constants, and are not part of this model. That includes the other handlers of agents.py.
- `get_print_job_by_id`, `get_user_by_id`, `get_user_by_username` and `get_user_print_history` are only modelled as the lookups the other operations use. The colour figures of the print history read a column the models lack.
- bcrypt, JWT encoding and decoding, and pydantic's `EmailStr` check are uninterpreted function parameters. E-mail normalisation is not modelled.
- `heartbeat`, `run_demo` and `generate_demo_print_job` in agent/demo.py are left out: they are a timed loop, a script driver and random data. The jobs a demo run submits are a parameter.
- `ensure_directories` in backend/app/core/config.py is filesystem I/O. The other settings are constants read from the environment, and only those with validators are modelled.
- Storage failures of the local queue are not modelled: every store operation succeeds. In agent/src/local_storage.py, `__init__` and `store_print_job` re-raise a SQLite error (lines 65-67, 86-88). `get_pending_jobs` answers `[]` (112-114) and `get_statistics` answers `{}` (193-195). `mark_as_uploaded`, `mark_upload_failed`, `cleanup_old_jobs`, `retry_failed_jobs` and `purge_failed_jobs` log the error and change nothing (130, 147, 168, 214, 232). `get_database_size` and `vacuum_database` are file-size and maintenance calls and are not modelled either.
- The audit log table, the seeder, the migrations and the setup scripts are not part of this model.
- Timestamps are integers, not ISO strings or SQLite timestamps. The comparison of an ISO string with a SQLite timestamp in `cleanup_old_jobs` is modelled as integer comparison.
- Case mapping acts on ASCII letters only: Unicode case mapping is not modelled. Whitespace is Python's full `str.isspace` set.
- `ORDER BY` is modelled as a stable sort of the rows in insertion order. SQL does not fix the order of ties, so the model fixes one of the orders a database may return.
- Foreign keys are not enforced by the model's flush: only the unique constraints are. One id counter serves every table, so ids are unique across tables, which is stronger than SQLite's per-table counters.
- The "first company" of `create_demo_users` is the first company in insertion order.
- The `installed_printers` list of an agent registration is accepted and not stored, as the endpoint does.
- Floating-point values, the `getattr(job_data, 'job_size_bytes', None)` fallback and values of the wrong JSON type in a request body are not modelled.
- FixImports.FileSystem.Write: a failed write changes nothing, whereas `open(path, 'w')` may already have truncated the file.
- FixImports.FixAllImports: the directory walk is the sequence of paths given, without duplicates. `os.walk` itself is not modelled.
- PrintJobSchemas.PrintTime: only a missing or null print_time becomes the current time. A print time is an integer here, and a given value is always kept, whereas `v or now` in the source would also replace a falsy value.
- Settings.CorsOriginsList: only the string branch is modelled. `CORS_ORIGINS` is declared `str`, so the other branch cannot be reached.
- PrintJobService.SiteStepCreates: it requires every site's company id to lie below the id counter. This holds in any database the model builds, but it is not part of `ValidDb`.
- UserService.UpdateUserChecksSuffice: it requires user ids to be distinct. This holds in any database the model builds, but it is not part of `Constraints`.
- AuthSchemas.ValidateUserCreateAsWritten: its contract states only the refusals. The two lemmas beside it show how it differs from the intended rule.

## Findings

| source | as written | input that shows it | evidently intended | confidence | as-written member | corrected member |
|---|---|---|---|---|---|---|
| backend/app/schemas/auth.py:47-55 | the password validator is a field validator without `always=True`, so it does not run when password is omitted; and `ldap_dn` is declared after `password`, so `values` never holds it when the validator runs | a body with only `username: "alice"` is accepted with neither password nor ldap_dn (AsWrittenAcceptsNoPassword); `username: "bob", password: null, ldap_dn: "cn=bob"` is refused (AsWrittenRefusesLdapNullPassword) | a password of at least 8 characters is required exactly when no non-empty ldap_dn is given (PasswordOrLdap) | not executed | AuthSchemas.ValidateUserCreateAsWritten | AuthSchemas.ValidateUserCreate |
| backend/app/services/user_service.py:265 | `get_user_statistics` sums `PrintJob.color_pages`, and the print job model defines no such column, so building the query raises on every call | any database, including an empty one (UserStatisticsAsWrittenFails) | color_pages is the sum of total_pages over the user's colour jobs, and bw_pages = total_pages - color_pages (StatOf, UserStatistics) | not executed | UserService.UserStatisticsAsWrittenFails | UserService.UserStatistics |
