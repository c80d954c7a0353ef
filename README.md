# Sentry discovery core, modelled in Dafny

This project models the core of the `sentry_discovery` package of the Sentry
Terraform migration toolkit. That core has three parts:

- **The discovery engine** (`discovery.py`), as the class `SentryDiscovery`:
  - `_make_request` with its retry loop, the 100 ms rate limiter that uses
    `last_request_time`, the classification of status codes, the exponential
    backoff after timeouts and connection errors, and the `Retry-After` sleep
    after a 429;
  - the traversals `get_organizations`, `get_teams` (one member request per
    team) and `get_projects` (one team request and one detail request per
    project);
  - the orchestration `discover_all`, with organisation choice, the two skip
    flags and the progress checkpoints 10/20/60/90/100;
  - the serialisers, in which raw payload keys overwrite the typed fields;
  - `test_connection`.
- **The string and map utilities** of `utils.py`: token validation, the two
  name sanitisers, truncation, the recursive dict merge, extracting the
  organisation from a URL, escaping for Terraform strings, import identifiers,
  and the parsing of a boolean environment value.
- **The configuration** (`config.py`):
  - the environment fallbacks of `SentryConfig.__post_init__`;
  - `Config.to_dict`;
  - `Config.from_dict`, as an overlay of a loaded dict onto the defaults;
  - `validate_config`.

How the model is built:

- `values.dfy` holds the shared values: `Option`, `Result`, a `Json` datatype for
  decoded bodies and loaded configuration, and Python's decimal rendering of
  integers.
- `discovery_spec.dfy` (module `DiscoverySpec`) describes the engine as functions
  of an explicit `World`. A world holds:
  - an integer clock in milliseconds;
  - the sleeps made so far;
  - `last_request_time`;
  - the scripted transport exchanges still to come;
  - the URLs sent;
  - the endpoints passed to `_make_request`.

  Every property of the engine is proved about these functions.
- `discovery.dfy` (module `Discovery`) holds the stateful classes:
  - `Clock`, whose `Sleep` records each sleep;
  - `Session`, which answers from the script;
  - `SentryDiscovery`, whose methods follow the Python methods loop by loop.

  Each method is proved to end in exactly the result and world that its
  `DiscoverySpec` function gives.
- `utils.dfy` (module `Utils`) and `config.dfy` (module `Config`) follow their
  Python files. The exceptions are `merge_dicts`, `from_dict` and
  `validate_config`: these are methods proved equal to specification functions,
  and the properties are lemmas about those functions.

Inputs the program takes from its surroundings become parameters:

- the session's answers are a script of exchanges, each with a latency;
- the wall clock is a starting time in milliseconds;
- `os.environ` is a `map<string, string>`;
- the set of existing filesystem paths is a `set<string>`.

## Model

| member | source | states |
|---|---|---|
| DiscoverySpec.MakeApi | src/sentry_discovery/discovery.py:67-78 | the stored base URL has no trailing '/' and the retry count is kept |
| DiscoverySpec.RStripSlash | src/sentry_discovery/discovery.py:76 | `rstrip("/")`: the result is a prefix, does not end in '/', and only '/' was removed |
| DiscoverySpec.LStripSlash | src/sentry_discovery/discovery.py:101 | `lstrip("/")`: the result is a suffix, does not start with '/', and only '/' was removed |
| DiscoverySpec.Url | src/sentry_discovery/discovery.py:101 | the URL starts with the base URL and one '/', the character after that '/' is not another '/', and the rest is a suffix of the endpoint with only '/' removed in front |
| Discovery.SentryDiscovery.constructor | src/sentry_discovery/discovery.py:67-93 | the object starts with the normalised base URL, `last_request_time` 0 and no request made |
| Discovery.Clock.Sleep | src/sentry_discovery/discovery.py:109 | a sleep advances the clock by exactly its length and is recorded |
| Discovery.Session.Get | src/sentry_discovery/discovery.py:113 | the next scripted outcome is returned and takes its latency; an exhausted script answers with a connection error |
| DiscoverySpec.Throttle | src/sentry_discovery/discovery.py:106-109 | an attempt sleeps only when less than 100 ms passed since the last response, and then for exactly the missing time; afterwards at least 100 ms have passed |
| DiscoverySpec.Send | src/sentry_discovery/discovery.py:113 | one `session.get` records the URL sent and consumes the next scripted exchange, advancing the clock by its latency; an exhausted script gives a connection error; the timestamp and sleeps are untouched |
| DiscoverySpec.Pow2 | src/sentry_discovery/discovery.py:141 | the backoff factor `2 ** attempt` is at least 1 |
| Discovery.SentryDiscovery.WaitForRateLimit | src/sentry_discovery/discovery.py:106-109 | the rate limiter changes the object exactly as `Throttle` says |
| DiscoverySpec.FirstRequestNeverWaits | src/sentry_discovery/discovery.py:92-93 | with the initial timestamp 0 the first request does not sleep |
| DiscoverySpec.Classify | src/sentry_discovery/discovery.py:115-157 | `last_request_time` becomes the current time exactly when a response came back, and a transport error leaves it unchanged; a decided response changes nothing else |
| Discovery.SentryDiscovery.Handle | src/sentry_discovery/discovery.py:115-160 | the handling of one outcome is the one `Classify` states |
| DiscoverySpec.Attempt | src/sentry_discovery/discovery.py:104-160 | each attempt sends exactly one request and uses up one scripted exchange |
| Discovery.SentryDiscovery.AttemptRequest | src/sentry_discovery/discovery.py:104-160 | one loop iteration ends in the step and world that `Attempt` gives |
| DiscoverySpec.RequestFrom | src/sentry_discovery/discovery.py:103-164 | the loop from attempt k sends at most `retry_attempts` + 1 − k requests, each using one exchange |
| Discovery.SentryDiscovery.RetryLoop | src/sentry_discovery/discovery.py:103-164 | the `for` loop over the attempts ends in exactly the result and world of `RequestFrom` from attempt 0 |
| DiscoverySpec.Request | src/sentry_discovery/discovery.py:97-101 | every `_make_request` call is recorded with its endpoint |
| Discovery.SentryDiscovery.MakeRequest | src/sentry_discovery/discovery.py:97-164 | `_make_request` returns exactly what `Request` says and leaves the world it says |
| DiscoverySpec.FirstResponse | src/sentry_discovery/discovery.py:113-118 | a response to the first attempt is classified in the world after that one request, and a decision there is the request's result |
| DiscoverySpec.RequestSuccessStatuses | src/sentry_discovery/discovery.py:118-124 | 200 returns the decoded body unchanged, and 204 and 404 return `{}`, after exactly one request |
| DiscoverySpec.RequestAuthFailure | src/sentry_discovery/discovery.py:130-135 | 401 and 403 fail on the first response, carrying that status code and the response text, with no further attempt |
| DiscoverySpec.ClassifyAuthFailure | src/sentry_discovery/discovery.py:130-135 | the error raised for 401 and 403 and its message |
| DiscoverySpec.RequestHttpError | src/sentry_discovery/discovery.py:136-137 | any other status from 400 to 599 fails at once with "Request failed: ..." and no status code, after one request (the `RequestException` handler at lines 159-160 words the message) |
| DiscoverySpec.ClassifyHttpError | src/sentry_discovery/discovery.py:136-137 | the message that `raise_for_status` leads to, re-raised by the handler at lines 159-160 |
| DiscoverySpec.UnhandledStatusUsesAttempt | src/sentry_discovery/discovery.py:117-137 | a status that no branch handles (for example 202) uses up the attempt and goes on to the next one without sleeping |
| DiscoverySpec.TransportErrorBackoff | src/sentry_discovery/discovery.py:139-157 | a timeout or connection error on attempt k < `retry_attempts` sleeps exactly 2^k s and retries; on the last attempt it fails with the timeout or connection message; `last_request_time` is untouched |
| DiscoverySpec.Backoffs | src/sentry_discovery/discovery.py:140-143 | the backoff schedule has one sleep for each attempt but the last |
| DiscoverySpec.TimeoutsExhaust | src/sentry_discovery/discovery.py:103-147 | from any world, a run of timeouts sends one request per remaining attempt; it sleeps the rate-limit wait `Throttle` makes before the first attempt, then the backoff schedule; it leaves the timestamp alone and ends in "Request timeout after N retries" |
| DiscoverySpec.TimeoutStep | src/sentry_discovery/discovery.py:139-147 | from any world, one timeout: the rate-limit wait, then before the last attempt a 2^k s sleep and the next attempt; on the last attempt, the timeout error |
| DiscoverySpec.ThreeTimeouts | src/sentry_discovery/discovery.py:139-147 | with `retry_attempts` = 2, three timeouts sleep 1 s and 2 s, send three requests, and fail with "Request timeout after 2 retries" |
| DiscoverySpec.TimeoutRightAfterResponse | src/sentry_discovery/discovery.py:106-109 | a request sent the moment a response arrived first sleeps the full 100 ms, then fails with the timeout error when no retry is left |
| DiscoverySpec.TwoRetriesTimeoutMessage | src/sentry_discovery/discovery.py:145-147 | the timeout message for two retries |
| DiscoverySpec.RateLimitSleepsRetryAfter | src/sentry_discovery/discovery.py:125-129 | a 429 records the response time and sleeps Retry-After seconds (60 when absent); the loop then continues with the next attempt; a negative value makes the sleep fail |
| DiscoverySpec.RateLimitedExhausts | src/sentry_discovery/discovery.py:103-164 | a run of 429s uses up every remaining attempt, one request each, and ends in the final error |
| DiscoverySpec.RateLimitedRequestFails | src/sentry_discovery/discovery.py:103-164 | `retry_attempts` + 1 consecutive 429s end in "Failed to make request after N+1 attempts", after exactly N+1 requests |
| DiscoverySpec.RateLimitThenSuccess | src/sentry_discovery/discovery.py:115-129 | a 429 with Retry-After 2 followed by a 200 returns the body after one 2 s sleep, with the timestamp of the second response |
| DiscoverySpec.RequestAttemptBound | src/sentry_discovery/discovery.py:103 | one `_make_request` call sends at most `retry_attempts` + 1 requests |
| DiscoverySpec.ParseOrganization | src/sentry_discovery/discovery.py:176-184 | an element becomes an organisation exactly when it is a dict with id, slug and name; features default to `[]`, status to `{}`, and the raw data is the element |
| DiscoverySpec.ParseOrganizationsMeaning | src/sentry_discovery/discovery.py:175-185 | the list parses exactly when every element does, and then element by element in order |
| Discovery.CollectOrganizations | src/sentry_discovery/discovery.py:175-185 | the append loop builds exactly the parsed list, or stops at the first bad element |
| DiscoverySpec.OrganizationsMeaning | src/sentry_discovery/discovery.py:170-185 | a response that is not a list gives no organisations; a list gives one organisation per element, in order, each with that element as raw data |
| Discovery.SentryDiscovery.GetOrganizations | src/sentry_discovery/discovery.py:166-188 | `get_organizations` returns and changes exactly what `Organizations` says |
| DiscoverySpec.ListRequest | src/sentry_discovery/discovery.py:221-227 | a member or project-team request returns the list body, `[]` for any other body, and passes failures through (the same shape as lines 268-274) |
| Discovery.SentryDiscovery.GetList | src/sentry_discovery/discovery.py:221-227 | the list-or-empty request behaves as `ListRequest` says (shared by lines 268-274) |
| Discovery.SentryDiscovery.GetTeamMembers | src/sentry_discovery/discovery.py:217-227 | `get_team_members` requests the team's members endpoint as `ListRequest` says |
| Discovery.SentryDiscovery.GetProjectTeams | src/sentry_discovery/discovery.py:262-274 | `get_project_teams` requests the project's teams endpoint as `ListRequest` says |
| Discovery.SentryDiscovery.GetProjectDetails | src/sentry_discovery/discovery.py:276-280 | `get_project_details` returns the body of the project's details endpoint unchanged |
| DiscoverySpec.MakeTeam | src/sentry_discovery/discovery.py:203-211 | a team is built exactly when id, slug and name are present; it belongs to the organisation slug passed in, holds the fetched members, `projects` defaults to `[]`, and the raw data is the element |
| DiscoverySpec.TeamEntry | src/sentry_discovery/discovery.py:199-212 | a successful team element was a dict with a slug and cost exactly one member request |
| Discovery.SentryDiscovery.BuildTeam | src/sentry_discovery/discovery.py:199-212 | one loop body of `get_teams` behaves as `TeamEntry` says |
| Discovery.SentryDiscovery.NextTeam | src/sentry_discovery/discovery.py:199-212 | one turn of the team loop puts the new team behind those collected, or ends the loop with its error |
| Discovery.SentryDiscovery.CollectTeams | src/sentry_discovery/discovery.py:198-212 | the team loop builds exactly the list of `TeamsFrom` |
| Discovery.SentryDiscovery.GetTeams | src/sentry_discovery/discovery.py:190-215 | `get_teams` returns and changes exactly what `Teams` says |
| DiscoverySpec.TeamsFromStep | src/sentry_discovery/discovery.py:199-212 | a successful element goes in front of the teams built from the rest |
| DiscoverySpec.TeamsFromFails | src/sentry_discovery/discovery.py:199-212 | a failing element ends the traversal with its error |
| DiscoverySpec.MemberCalls | src/sentry_discovery/discovery.py:201 | one member request per team |
| DiscoverySpec.TeamsFromCalls | src/sentry_discovery/discovery.py:198-212 | a successful team traversal makes exactly one member request per team, in list order, and no other request |
| DiscoverySpec.TeamsFromShape | src/sentry_discovery/discovery.py:198-212 | the team list has the API list's length and order, and every team belongs to the organisation it was fetched for |
| DiscoverySpec.TeamsPrependShape | src/sentry_discovery/discovery.py:212 | the shape of the team list is kept when a team is appended |
| DiscoverySpec.TeamsMeaning | src/sentry_discovery/discovery.py:194-212 | a non-list response gives no teams; a list gives one team per element, in order, after the list request and exactly one member request per team |
| DiscoverySpec.MakeProject | src/sentry_discovery/discovery.py:245-256 | a project is built exactly when id, slug and name are present and the details are a dict. platform defaults to "other" and status to "unknown"; options come from the details; raw data is the element overlaid by the details |
| DiscoverySpec.EmptyDetailsKeepRawData | src/sentry_discovery/discovery.py:254-255 | an empty detail body leaves the raw data as the list element |
| DiscoverySpec.ProjectEntry | src/sentry_discovery/discovery.py:238-257 | a successful project element cost exactly its teams request and then its details request |
| Discovery.SentryDiscovery.BuildProject | src/sentry_discovery/discovery.py:238-257 | one loop body of `get_projects` behaves as `ProjectEntry` says |
| Discovery.SentryDiscovery.NextProject | src/sentry_discovery/discovery.py:238-257 | one turn of the project loop puts the new project behind those collected, or ends the loop with its error |
| Discovery.SentryDiscovery.CollectProjects | src/sentry_discovery/discovery.py:237-257 | the project loop builds exactly the list of `ProjectsFrom` |
| Discovery.SentryDiscovery.GetProjects | src/sentry_discovery/discovery.py:229-260 | `get_projects` returns and changes exactly what `Projects` says |
| DiscoverySpec.ProjectsFromStep | src/sentry_discovery/discovery.py:238-257 | a successful element goes in front of the projects built from the rest |
| DiscoverySpec.ProjectsFromFails | src/sentry_discovery/discovery.py:238-257 | a failing element ends the traversal with its error |
| DiscoverySpec.ProjectCalls | src/sentry_discovery/discovery.py:240-243 | two requests per project |
| DiscoverySpec.ProjectsFromCalls | src/sentry_discovery/discovery.py:237-257 | a successful project traversal makes exactly two requests per project, teams then details, in list order |
| DiscoverySpec.ProjectsFromShape | src/sentry_discovery/discovery.py:237-257 | the project list has the API list's length and order, and every project belongs to the organisation it was fetched for and keeps its slug |
| DiscoverySpec.ProjectsPrependShape | src/sentry_discovery/discovery.py:257 | the shape of the project list is kept when a project is appended |
| DiscoverySpec.ProjectsMeaning | src/sentry_discovery/discovery.py:233-257 | a non-list response gives no projects; a list gives one project per element, in order, after the list request and exactly two requests per project |
| DiscoverySpec.PrependAll | src/sentry_discovery/discovery.py:198-212 | collected elements go in front of a successful rest; a failure passes through (and lines 237-257) |
| DiscoverySpec.PrependNothing | src/sentry_discovery/discovery.py:198 | an empty collection adds nothing (and line 237) |
| DiscoverySpec.PrependAllStep | src/sentry_discovery/discovery.py:212 | appending one element to the collection equals putting it in front of the rest (and line 257) |
| DiscoverySpec.SerializeTeam | src/sentry_discovery/discovery.py:341-351 | the keys are the typed keys together with all raw keys; a raw value wins every collision; a typed key without a collision keeps its typed value |
| DiscoverySpec.SerializeProject | src/sentry_discovery/discovery.py:353-366 | the keys are the typed keys together with all raw keys; a raw value wins every collision; a typed key without a collision keeps its typed value |
| DiscoverySpec.RawOrganizationWins | src/sentry_discovery/discovery.py:347-350 | a raw "organization" key replaces the slug the team was fetched under |
| DiscoverySpec.SerializeTeams | src/sentry_discovery/discovery.py:319 | the serialised team list keeps its length and order |
| DiscoverySpec.SerializeProjects | src/sentry_discovery/discovery.py:328-330 | the serialised project list keeps its length and order |
| DiscoverySpec.FirstWithSlug | src/sentry_discovery/discovery.py:303 | the `next(...)` search finds the first organisation with the slug, or reports that there is none |
| DiscoverySpec.ChooseOrganization | src/sentry_discovery/discovery.py:302-307 | a non-empty target picks the first organisation whose slug equals it and otherwise fails with ValueError; an empty or absent target picks the first organisation |
| DiscoverySpec.TeamPhase | src/sentry_discovery/discovery.py:316-319 | `projects_only` skips the team phase, with no request |
| DiscoverySpec.ProjectPhase | src/sentry_discovery/discovery.py:325-330 | `teams_only` skips the project phase, with no request |
| Discovery.SentryDiscovery.DiscoverTeams | src/sentry_discovery/discovery.py:316-319 | the team phase behaves as `TeamPhase` says |
| Discovery.SentryDiscovery.DiscoverProjects | src/sentry_discovery/discovery.py:325-330 | the project phase behaves as `ProjectPhase` says |
| DiscoverySpec.DiscoverIn | src/sentry_discovery/discovery.py:310-339 | once an organisation is chosen, 20 is reported first |
| Discovery.SentryDiscovery.DiscoverInOrganization | src/sentry_discovery/discovery.py:310-339 | the part of `discover_all` after the choice returns, reports and changes what `DiscoverIn` says |
| Discovery.SentryDiscovery.DiscoverAll | src/sentry_discovery/discovery.py:282-339 | `discover_all` returns, reports and changes exactly what `Discover` says |
| DiscoverySpec.DiscoverNoOrganizations | src/sentry_discovery/discovery.py:292-299 | without organisations the run returns `{}` after reporting only 10 |
| DiscoverySpec.DiscoverChosen | src/sentry_discovery/discovery.py:301-311 | a run that gets past the organisation list goes on in the chosen organisation |
| DiscoverySpec.DiscoverBothSkipped | src/sentry_discovery/discovery.py:313-336 | with both skip flags no request follows the choice, both lists are empty, and the progress is 20, 100 |
| DiscoverySpec.DiscoverSkipFlags | src/sentry_discovery/discovery.py:313-330 | the result has exactly the keys organization, teams and projects; the organisation is its raw data; `projects_only` empties the teams and `teams_only` the projects |
| DiscoverySpec.DiscoveryResultFields | src/sentry_discovery/discovery.py:313 | the result dict's keys and values |
| DiscoverySpec.DiscoverProgress | src/sentry_discovery/discovery.py:292-336 | a completed run reports a non-decreasing subsequence of 10, 20, 60, 90, 100 that starts 10, 20 and ends in 100 |
| DiscoverySpec.ProgressNonDecreasing | src/sentry_discovery/discovery.py:292-336 | every selection of checkpoints is non-decreasing, from 10 to 100 |
| DiscoverySpec.DiscoverInProgress | src/sentry_discovery/discovery.py:310-336 | a completed run reports 20, then 60 unless teams were skipped, then 90 unless projects were skipped, then 100 |
| DiscoverySpec.ConnectionOk | src/sentry_discovery/discovery.py:368-376 | the connection test costs exactly the organisation request |
| Discovery.SentryDiscovery.TestConnection | src/sentry_discovery/discovery.py:368-376 | `test_connection` returns and changes what `ConnectionOk` says; every failure reads as false |
| DiscoverySpec.ConnectionOkMeansDiscovery | src/sentry_discovery/discovery.py:368-376 | the test succeeds exactly when a discovery from the same world gets past the organisation list, which is when it reports 10 then 20, as `discover_all` does at lines 296-311 |
| Values.IntToString | src/sentry_discovery/discovery.py:132 | the decimal rendering is non-empty and starts with '-' exactly for negative numbers |
| Values.NatToString | src/sentry_discovery/discovery.py:132 | the decimal rendering of a natural number is non-empty and all digits |
| Utils.ValidateTokenMeaning | src/sentry_discovery/utils.py:35-48 | a token is valid exactly when it is 64 lower-case hex characters, or 63 of them and a final newline (as Python's `$` allows), or it starts with "sntrys_" and is longer than 20; "" is invalid |
| Utils.ReplaceInvalidFilenameChars | src/sentry_discovery/utils.py:53 | the length is kept, no character of `<>:"/\|?*` is left, every other character is kept in place, and each replaced one became '_' |
| Utils.FilenameReplaceFacts | src/sentry_discovery/utils.py:53-55 | after both replacements no invalid character or space remains, and the non-'_' characters are the kept ones |
| Utils.FilenameCoreFacts | src/sentry_discovery/utils.py:53-59 | before the "unnamed" fallback: no invalid character or space, no "__", no '_' at either end |
| Utils.SafeFilenameShape | src/sentry_discovery/utils.py:50-61 | the result is non-empty, contains none of `<>:"/\|?*` nor a space, has no "__", and neither starts nor ends with '_' |
| Utils.SafeFilenameUnnamed | src/sentry_discovery/utils.py:60-61 | a name made only of separators gives "unnamed", and "unnamed" is the result only when nothing else survives (or the survivors spell it) |
| Utils.SafeFilenameIdempotent | src/sentry_discovery/utils.py:50-61 | applying `safe_filename` twice equals applying it once |
| Utils.CollapseFacts | src/sentry_discovery/utils.py:57 | collapsing leaves no "__", keeps the first character and adds no new character (also line 70) |
| Utils.StripFacts | src/sentry_discovery/utils.py:59 | `strip('_')` is a slice that neither starts nor ends with '_' and keeps every other character (also line 72) |
| Utils.LowerAndReplace | src/sentry_discovery/utils.py:66-68 | the length is kept, every character of the result is in [a-z0-9_], a character that lower-cases into [a-z0-9_] is kept lower-cased, and any other becomes '_' |
| Utils.ResourceCoreFacts | src/sentry_discovery/utils.py:66-72 | before the digit prefix: only [a-z0-9_], no "__", no '_' at either end |
| Utils.SafeResourceNameShape | src/sentry_discovery/utils.py:63-77 | the result is non-empty, uses only [a-z0-9_], has no "__", does not end with '_', never starts with a digit, and starts with '_' only before a digit |
| Utils.SafeResourceNameIdempotent | src/sentry_discovery/utils.py:63-77 | applying `safe_resource_name` twice equals applying it once |
| Utils.PrefixSlice | src/sentry_discovery/utils.py:97 | `s[:k]` has the length Python gives it, with a negative bound counting from the end |
| Utils.TruncateString | src/sentry_discovery/utils.py:93-97 | a text within the limit is returned unchanged; a longer one becomes its first `max_length`−3 characters and "...", exactly `max_length` long when `max_length` ≥ 3 |
| Utils.TruncateShortLimit | src/sentry_discovery/utils.py:97 | below a limit of 3 the result can be longer than the limit |
| Utils.MergeDicts | src/sentry_discovery/utils.py:99-107 | the copy-and-update loop builds exactly the recursive merge `Merged` |
| Utils.MergedMeaning | src/sentry_discovery/utils.py:99-107 | the keys are the union of both key sets; a key only in `dict1` keeps its value; two dict values merge recursively; otherwise `dict2`'s value wins |
| Utils.MergedFlat | src/sentry_discovery/utils.py:102-106 | without nested dicts on both sides the merge is a plain update |
| Utils.MergedEmpty | src/sentry_discovery/utils.py:99-107 | merging with `{}` in either position gives the other dict |
| Utils.MergedIdempotent | src/sentry_discovery/utils.py:99-107 | a dict merged with itself is unchanged |
| Utils.SlugRun | src/sentry_discovery/utils.py:123 | `[^/]+` takes the longest run without '/' |
| Utils.FirstMatchFrom | src/sentry_discovery/utils.py:124 | the search finds the leftmost match from a position, or rules out every position |
| Utils.ExtractOrgFromUrl | src/sentry_discovery/utils.py:120-125 | None exactly when "sentry.io/organizations/" is nowhere followed by a non-'/' character; otherwise the longest non-empty run without '/' after the leftmost such marker |
| Utils.SanitizeIsEscape | src/sentry_discovery/utils.py:127-135 | the five replacements equal one escape per character, because the backslash is replaced first |
| Utils.SanitizeOneChar | src/sentry_discovery/utils.py:130-134 | a single character is replaced by its own escape |
| Utils.SanitizeAppend | src/sentry_discovery/utils.py:130-134 | the sanitiser works character by character |
| Utils.SanitizeShape | src/sentry_discovery/utils.py:127-135 | no raw newline, CR or tab remains, and the length grows by exactly the number of escaped characters |
| Utils.EscapedFacts | src/sentry_discovery/utils.py:127-135 | the per-character escape: its length and the control characters it leaves out |
| Utils.SanitizeRoundTrip | src/sentry_discovery/utils.py:127-135 | reading the escapes back gives the original string |
| Utils.UnescapeEscaped | src/sentry_discovery/utils.py:127-135 | unescaping the per-character escape gives the original string |
| Utils.ImportIdSplits | src/sentry_discovery/utils.py:137-141 | splitting the import id on '/' gives org, slug and extra for a team member with a non-empty extra, and org and slug in every other case |
| Utils.SplitSlashJoin | src/sentry_discovery/utils.py:140-141 | a '/'-free part joined with '/' splits back off |
| Utils.GetEnvBoolMeaning | src/sentry_discovery/utils.py:242-250 | "true", "1", "yes" and "on" in any case give True; "false", "0", "no" and "off" give False; anything else or unset gives the default; only the lower-cased value matters |
| Utils.GetEnvBoolExamples | src/sentry_discovery/utils.py:242-250 | "TRUE" is true, "No" is false, "maybe" and "" give the default |
| Utils.LowerString | src/sentry_discovery/utils.py:245 | `lower()` on ASCII: the length is kept, no 'A'..'Z' is left, each upper-case letter becomes its lower-case letter, and every other character is kept |
| Utils.LowerStringIdempotent | src/sentry_discovery/utils.py:245 | lower-casing a lower-cased string changes nothing |
| Config.PostInit | src/sentry_discovery/config.py:26-37 | the token and the organisation come from SENTRY_AUTH_TOKEN and SENTRY_ORG only when falsy; the base URL comes from SENTRY_BASE_URL only when it is the default; the self-hosted flag is raised exactly when the resolved URL does not contain "sentry.io", and is never lowered |
| Config.PostInitIdempotent | src/sentry_discovery/config.py:26-37 | applying the fallbacks again with the same environment changes nothing |
| Config.DefaultUrlIsSentryIo | src/sentry_discovery/config.py:20-36 | the default base URL contains "sentry.io" |
| Config.DefaultSentryEmptyEnv | src/sentry_discovery/config.py:17-37 | with an empty environment the defaults stay: no token, sentry.io, not self-hosted |
| Config.ToDict | src/sentry_discovery/config.py:93-132 | the saved dict has exactly the four sections, and the Sentry section carries no token |
| Config.ToDictSentryKeys | src/sentry_discovery/config.py:96-101 | the saved Sentry section has exactly base_url, organization, timeout and retry_attempts |
| Config.ApplySentry | src/sentry_discovery/config.py:140-146 | the Sentry lines of `from_dict`, one assignment after another, give `OverlaySentry` |
| Config.ApplyTerraformLayout | src/sentry_discovery/config.py:151-153 | the output-layout lines give `OverlayTerraformLayout` |
| Config.ApplyTerraformVersions | src/sentry_discovery/config.py:154-156 | the version and template lines give `OverlayTerraformVersions` |
| Config.ApplyTerraformOptions | src/sentry_discovery/config.py:157-161 | the naming and option lines give `OverlayTerraformOptions` |
| Config.ApplyTerraform | src/sentry_discovery/config.py:149-161 | the Terraform lines give `OverlayTerraform` |
| Config.ApplyOutput | src/sentry_discovery/config.py:164-171 | the output lines give `OverlayOutput` |
| Config.ApplyFilters | src/sentry_discovery/config.py:174-182 | the filter lines give `OverlayFilters` |
| Config.FromDict | src/sentry_discovery/config.py:134-184 | `from_dict` is the overlay of the dict onto a fresh default configuration |
| Config.OverlaySentryMeaning | src/sentry_discovery/config.py:140-146 | in a present Sentry section each present key overrides its field and each absent one keeps it; a token can be loaded; the self-hosted flag is not recomputed |
| Config.OverlayTerraformLayoutMeaning | src/sentry_discovery/config.py:151-153 | the three layout fields follow the keys, and nothing else changes |
| Config.OverlayTerraformVersionsMeaning | src/sentry_discovery/config.py:154-156 | the three version and template fields follow the keys, and nothing else changes |
| Config.OverlayTerraformOptionsMeaning | src/sentry_discovery/config.py:157-161 | the five option fields follow the keys, and nothing else changes |
| Config.OverlayTerraformMeaning | src/sentry_discovery/config.py:149-161 | in a present Terraform section each of the eleven fields takes its key when present and keeps its value otherwise |
| Config.OverlayOutputMeaning | src/sentry_discovery/config.py:164-171 | in a present output section each field takes its key when present and keeps its value otherwise |
| Config.OverlayFiltersMeaning | src/sentry_discovery/config.py:174-182 | in a present filters section each field takes its key when present and keeps its value otherwise |
| Config.OverlayMeaning | src/sentry_discovery/config.py:137-184 | a missing section keeps all its defaults, a present one is overlaid key by key, and the self-hosted flag stays as the defaults computed it |
| Config.OverlayNonDictSection | src/sentry_discovery/config.py:140-142 | a Sentry section that is not a dict fails with AttributeError |
| Config.FromDictKeepsSelfHostedFlag | src/sentry_discovery/config.py:137-142 | loading a base URL that is not sentry.io leaves the self-hosted flag False |
| Config.SentryRoundTrip | src/sentry_discovery/config.py:140-146 | loading a saved Sentry section gives back every written field; the token and flag stay as they were, reading what lines 96-101 of `to_dict` write |
| Config.TerraformRoundTrip | src/sentry_discovery/config.py:149-161 | loading a saved Terraform section gives back every field, reading what lines 102-114 of `to_dict` write |
| Config.TerraformLayoutRoundTrip | src/sentry_discovery/config.py:151-153 | the layout fields round-trip, reading what lines 103-105 write |
| Config.TerraformVersionsRoundTrip | src/sentry_discovery/config.py:154-156 | the version and template fields round-trip, reading what lines 106-108 write |
| Config.TerraformOptionsRoundTrip | src/sentry_discovery/config.py:157-161 | the option fields round-trip, reading what lines 109-113 write |
| Config.OutputRoundTrip | src/sentry_discovery/config.py:164-171 | loading a saved output section gives back every field, reading what lines 115-122 of `to_dict` write |
| Config.FiltersRoundTrip | src/sentry_discovery/config.py:174-182 | loading a saved filters section gives back every field, reading what lines 123-131 of `to_dict` write |
| Config.RoundTrip | src/sentry_discovery/config.py:93-184 | `from_dict(to_dict(c))` agrees with `c` on every written field; the token and the self-hosted flag come from the defaults |
| Config.ValidateConfig | src/sentry_discovery/config.py:254-285 | the append sequence produces exactly the ordered list of failed checks |
| Config.FailedMessagesIn | src/sentry_discovery/config.py:256-283 | a message is reported exactly when a check with that message failed |
| Config.FailedMessagesEmpty | src/sentry_discovery/config.py:256-283 | nothing is reported exactly when no check failed |
| Config.ValidateConfigEmptyIff | src/sentry_discovery/config.py:254-285 | no issue is reported exactly when all of these hold: a token; a base URL; timeout > 0; retry_attempts ≥ 0; an output directory; a template directory absent or existing; format in hcl/json/yaml; file naming in resource_type/alphabetical/custom |
| Config.MissingTokenReportedFirst | src/sentry_discovery/config.py:259-260 | a missing token is reported, and it is the first issue |
| Config.FirstIssue | src/sentry_discovery/config.py:259-260 | the token issue heads every prefix of the list |
| Config.DefaultsWithTokenAreValid | src/sentry_discovery/config.py:254-285 | the defaults with a token pass validation (the defaults are those of lines 19-68) |

## Left out

- The HTTP layer of `requests`:
  - The session, the headers, the `params` and `timeout` passed to `get`, redirects and `response.json()` are not modelled.
  - A response carries its decoded body, so an invalid JSON body (a `ValueError` from `response.json()`) is not modelled.
  - `Retry-After` arrives already read as an integer, so a header that `int()` rejects is not modelled; a negative one fails the sleep with ValueError, as `time.sleep` would.
- `urljoin`: the URL is the base URL, "/" and the endpoint without its leading slashes. This is what `urljoin` gives for these endpoints; its general resolution rules are not modelled.
- `raise_for_status`: an `HTTPError` is raised for statuses 400–599. Its message uses the request URL. Any other unhandled status falls through and uses up the attempt.
- Time: the clock is an integer number of milliseconds, which replaces the float seconds of `time.time` and `time.sleep`. The transport is a scripted list of exchanges, and an exhausted script answers with a connection error.
- The progress callback is a list of reported values that the run returns. A run without a callback is the same run with the list ignored.
- `str()` of lists and dicts inside URLs: resource slugs are kept as JSON values. Scalars are rendered exactly; a list or dict becomes a fixed placeholder instead of Python's repr.
- Dict key order: dicts are Dafny maps, so the order of keys in serialised dicts is not modelled. Only the key sets and values are.
- The dataclasses are modelled as values. Object identity and field mutation of `SentryTeam`, `SentryProject` and the config sections are not modelled.
- `Config.FromDict`: a value of the wrong JSON type for a typed field (for example a number for `base_url`) is reported as a `WrongType` error. Python would store that value in the field.
- `Utils.LowerString`, `Utils.LowerAndReplace`, `Utils.GetEnvBoolMeaning`: `str.lower()` is modelled for ASCII only; other Unicode behaviour is not modelled.
- `Utils.MergeDicts`: `dict1` is a value, so "dict1 is not modified" holds trivially and says nothing about aliasing.
- `DiscoverySpec.TimeoutsExhaust`: states the number of requests sent, not the list of URLs sent (every one is the same URL).
- `DiscoverySpec.ThreeTimeouts`: states that three requests were sent, not the list of URLs.
- Logging, `__del__`, and the command-line interface (`cli.py`).
- File, YAML and dotenv I/O: `load_config`, `save_config`, `create_sample_config`, `get_default_config_paths`, `load_dotenv`, and the file helpers in `utils.py`.
- Hashing, subprocess calls, and the float utilities: `format_bytes`, `format_duration`, `ProgressTracker`, `retry_on_exception`.
- `validate_url`: its meaning is the behaviour of Python's regex engine, with no property beyond matching the pattern.
- `validate_config`'s filesystem check: `Path(...).exists()` is modelled as membership in a given set of existing paths (files or directories).
